/** The objects of the ledger: clients, accounts with their histories, the
    registration of deposits and withdrawals, client lookup, account creation
    and the account iterator. The methods that move money or journal it are
    proved against the functions of module Regras. */
module SistemaBancario {
  import opened Regras

  datatype Option<T> = None | Some(value: T)

  /** The append-only list of records of one account. */
  class Historico {
    var transacoes: seq<Registro>

    constructor ()
      ensures transacoes == []
    {
      transacoes := [];
    }

    method AdicionarTransacao(t: Transacao, data: Data)
      modifies this
      ensures transacoes == old(transacoes) + [RegistroDe(t, data)]
    {
      transacoes := transacoes + [RegistroDe(t, data)];
    }
  }

  /** A client (an individual person): identity data and the accounts it owns. */
  class Cliente {
    const nome: string
    const dataNascimento: string
    const cpf: string
    const endereco: string
    var contas: seq<Conta>

    constructor (nome: string, dataNascimento: string, cpf: string, endereco: string)
      ensures this.nome == nome && this.dataNascimento == dataNascimento
      ensures this.cpf == cpf && this.endereco == endereco
      ensures contas == []
    {
      this.nome := nome;
      this.dataNascimento := dataNascimento;
      this.cpf := cpf;
      this.endereco := endereco;
      contas := [];
    }

    method AdicionarConta(conta: Conta)
      modifies this
      ensures contas == old(contas) + [conta]
    {
      contas := contas + [conta];
    }

    /** Runs `t` on `conta` only if `conta` is one of this client's accounts
        (compared by reference); otherwise nothing changes. */
    method RealizarTransacao(conta: Conta, t: Transacao, data: Data) returns (r: Status)
      modifies conta, conta.historico
      ensures conta !in contas ==> r == Falha(ContaAlheia) && unchanged(conta, conta.historico)
      ensures conta in contas ==>
        Passo(conta.EstadoAtual(), r) == Efeito(conta.politica, old(conta.EstadoAtual()), t, data)
    {
      if conta in contas {
        r := Registrar(t, conta, data);
      } else {
        r := Falha(ContaAlheia);
      }
    }
  }

  /** An account: a base account (`politica == Base`) or a checking account
      (`politica == Corrente(limite, limiteSaques)`). */
  class Conta {
    var saldo: Valor
    const numero: int
    const agencia: string
    const cliente: Cliente
    const historico: Historico
    const politica: Politica

    constructor (numero: int, cliente: Cliente, politica: Politica)
      ensures saldo == 0 && agencia == AGENCIA
      ensures this.numero == numero && this.cliente == cliente && this.politica == politica
      ensures fresh(historico) && historico.transacoes == []
    {
      saldo := 0;
      this.numero := numero;
      agencia := AGENCIA;
      this.cliente := cliente;
      historico := new Historico();
      this.politica := politica;
    }

    /** The factory: an account of kind `politica` bound to `cliente` and `numero`. */
    static method NovaConta(cliente: Cliente, numero: int, politica: Politica) returns (c: Conta)
      ensures fresh(c) && fresh(c.historico)
      ensures c.saldo == 0 && c.agencia == AGENCIA && c.historico.transacoes == []
      ensures c.numero == numero && c.cliente == cliente && c.politica == politica
    {
      c := new Conta(numero, cliente, politica);
    }

    ghost function EstadoAtual(): Estado
      reads this, historico
    {
      Estado(saldo, historico.transacoes)
    }

    /** The balance is what the history accounts for. */
    ghost predicate Escriturada()
      reads this, historico
    {
      saldo == Soma(historico.transacoes)
    }

    /** The base account's withdrawal. */
    method SacarBase(valor: Valor) returns (r: Status)
      modifies this
      ensures r == DecisaoSaqueBase(old(saldo), valor)
      ensures saldo == if r == Sucesso then old(saldo) - valor else old(saldo)
    {
      var excedeuSaldo := valor > saldo;
      if excedeuSaldo {
        r := Falha(SaldoInsuficiente);
      } else if valor > 0 {
        saldo := saldo - valor;
        r := Sucesso;
      } else {
        r := Falha(ValorInvalido);
      }
    }

    /** The withdrawal of this account's kind; a checking account checks its
        two guards and then defers to the base rules. */
    method Sacar(valor: Valor) returns (r: Status)
      modifies this
      ensures r == DecisaoSaque(politica, old(saldo), historico.transacoes, valor)
      ensures saldo == if r == Sucesso then old(saldo) - valor else old(saldo)
      ensures old(saldo) >= 0 ==> saldo >= 0
    {
      match politica
      case Base =>
        r := SacarBase(valor);
      case Corrente(limite, limiteSaques) =>
        var saques := Saques(historico.transacoes);  // the whole history, not one day
        var excedeuLimite := valor > limite;
        var excedeuSaques := |saques| >= limiteSaques;
        if excedeuLimite {
          r := Falha(LimiteExcedido);
        } else if excedeuSaques {
          r := Falha(SaquesExcedidos);
        } else {
          r := SacarBase(valor);
        }
    }

    method Depositar(valor: Valor) returns (r: Status)
      modifies this
      ensures r == DecisaoDeposito(valor)
      ensures saldo == if r == Sucesso then old(saldo) + valor else old(saldo)
    {
      if valor > 0 {
        saldo := saldo + valor;
        r := Sucesso;
      } else {
        r := Falha(ValorInvalido);
      }
    }
  }

  /** `Saque.registrar` / `Deposito.registrar`: run the account's operation and
      journal the transaction exactly when it succeeded. */
  method Registrar(t: Transacao, conta: Conta, data: Data) returns (r: Status)
    modifies conta, conta.historico
    ensures Passo(conta.EstadoAtual(), r) == Efeito(conta.politica, old(conta.EstadoAtual()), t, data)
    ensures r == Sucesso <==>
      conta.historico.transacoes == old(conta.historico.transacoes) + [RegistroDe(t, data)]
    ensures r != Sucesso ==> conta.historico.transacoes == old(conta.historico.transacoes)
    ensures old(conta.Escriturada()) ==> conta.Escriturada()
  {
    ghost var antes := conta.EstadoAtual();
    if t.tipo == Saque {
      r := conta.Sacar(t.valor);
    } else {
      r := conta.Depositar(t.valor);
    }
    if r == Sucesso {
      conta.historico.AdicionarTransacao(t, data);
    }
    if antes.saldo == Soma(antes.historico) {
      EfeitoEscriturado(conta.politica, antes, t, data);
    }
  }

  /** `k` is the position of the first client in `clientes` whose CPF is `cpf`. */
  predicate PrimeiroCom(cpf: string, clientes: seq<Cliente>, k: int) {
    0 <= k < |clientes| && clientes[k].cpf == cpf &&
    forall j :: 0 <= j < k ==> clientes[j].cpf != cpf
  }

  /** The client list filtered on `cpf`, in order. */
  function Filtrados(cpf: string, clientes: seq<Cliente>): (f: seq<Cliente>)
    ensures forall i :: 0 <= i < |f| ==> f[i].cpf == cpf && f[i] in clientes
    ensures forall i :: 0 <= i < |clientes| && clientes[i].cpf == cpf ==> clientes[i] in f
    ensures |f| > 0 ==> exists k :: PrimeiroCom(cpf, clientes, k) && clientes[k] == f[0]
  {
    if clientes == [] then []
    else if clientes[0].cpf == cpf then
      assert PrimeiroCom(cpf, clientes, 0);
      [clientes[0]] + Filtrados(cpf, clientes[1..])
    else
      var resto := Filtrados(cpf, clientes[1..]);
      assert |resto| > 0 ==> exists k :: PrimeiroCom(cpf, clientes, k) && clientes[k] == resto[0] by {
        if |resto| > 0 {
          var k' :| PrimeiroCom(cpf, clientes[1..], k') && clientes[1..][k'] == resto[0];
          assert PrimeiroCom(cpf, clientes, k' + 1) by {
            forall j | 0 <= j < k' + 1 ensures clientes[j].cpf != cpf {
              if j > 0 { assert clientes[j] == clientes[1..][j - 1]; }
            }
          }
        }
      }
      resto
  }

  /** The first client whose CPF is `cpf`, or none. */
  function FiltrarCliente(cpf: string, clientes: seq<Cliente>): (r: Option<Cliente>)
    ensures r.None? <==> forall i :: 0 <= i < |clientes| ==> clientes[i].cpf != cpf
    ensures r.Some? ==> exists k :: PrimeiroCom(cpf, clientes, k) && clientes[k] == r.value
  {
    var filtrados := Filtrados(cpf, clientes);
    if |filtrados| > 0 then Some(filtrados[0]) else None
  }

  /** The client and account lists the console program keeps. */
  class Cadastro {
    var clientes: seq<Cliente>
    var contas: seq<Conta>

    constructor ()
      ensures clientes == [] && contas == []
    {
      clientes := [];
      contas := [];
    }

    /** Opens a checking account numbered `numeroConta` for the client with
        CPF `cpf` and returns the next number; without such a client nothing
        changes and the number is returned as it was. */
    method CriarConta(numeroConta: int, cpf: string) returns (proximo: int)
      modifies this, clientes
      ensures clientes == old(clientes)
      ensures FiltrarCliente(cpf, clientes).None? ==>
        proximo == numeroConta && contas == old(contas) &&
        forall c :: c in clientes ==> c.contas == old(c.contas)
      ensures FiltrarCliente(cpf, clientes).Some? ==>
        var dono := FiltrarCliente(cpf, clientes).value;
        proximo == numeroConta + 1 &&
        |contas| == |old(contas)| + 1 && contas[..|old(contas)|] == old(contas) &&
        var nova := contas[|old(contas)|];
        fresh(nova) && fresh(nova.historico) &&
        nova.numero == numeroConta && nova.cliente == dono && nova.politica == CORRENTE_PADRAO &&
        nova.saldo == 0 && nova.agencia == AGENCIA && nova.historico.transacoes == [] &&
        dono.contas == old(dono.contas) + [nova] &&
        forall c :: c in clientes && c != dono ==> c.contas == old(c.contas)
    {
      var cliente := FiltrarCliente(cpf, clientes);
      if cliente.None? {
        return numeroConta;
      }
      var conta := Conta.NovaConta(cliente.value, numeroConta, CORRENTE_PADRAO);
      contas := contas + [conta];
      cliente.value.AdicionarConta(conta);
      return numeroConta + 1;
    }
  }

  /** Walks a list of accounts in order. */
  class ContasIterador {
    const contas: seq<Conta>
    var index: nat

    constructor (contas: seq<Conta>)
      ensures this.contas == contas && index == 0
    {
      this.contas := contas;
      index := 0;
    }

    /** The next account, or `None` once every account was returned. */
    method Next() returns (r: Option<Conta>)
      modifies this
      ensures old(index) < |contas| ==> r == Some(contas[old(index)]) && index == old(index) + 1
      ensures old(index) >= |contas| ==> r == None && index == old(index)
    {
      if index < |contas| {
        r := Some(contas[index]);
        index := index + 1;
      } else {
        r := None;
      }
    }
  }

  /** The `for conta in ContasIterador(contas)` loop of the account listing:
      it visits every account once, in list order. */
  method Percorrer(contas: seq<Conta>) returns (visitadas: seq<Conta>)
    ensures visitadas == contas
  {
    var it := new ContasIterador(contas);
    visitadas := [];
    var fim := false;
    while !fim
      invariant it.contas == contas && it.index <= |contas|
      invariant visitadas == contas[..it.index]
      invariant fim ==> it.index == |contas|
      decreases |contas| - it.index, !fim
    {
      var proxima := it.Next();
      match proxima
      case Some(conta) =>
        visitadas := visitadas + [conta];
      case None =>
        fim := true;
    }
  }
}
